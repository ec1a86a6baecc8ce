/** The runtime side of configurations (`src/configuration.rs`): a
    configuration's `load` taken as a function from its options to its
    result, the blanket `EasyConfiguration` that loads with the default
    options, the direct configuration that returns its options, and the env
    configuration that reads the environment with or without a prefix. Reading
    the environment is done by envy and is a parameter here; loads are
    `async` in the source and are taken here as already awaited. */
module Configuration {
  import opened Prelude
  import opened Syn
  import opened DeriveCommon
  import EnvFactory

  /** `EasyConfiguration::load` for a `Configuration` whose `Opts` has a
      default: load with the default options. */
  function EasyLoad<O, R>(load: O -> R, default: O): R {
    load(default)
  }

  /** `DirectConfiguration::load`: the options are the configuration. */
  function DirectLoad<T>(opts: T): (r: T)
    ensures r == opts
  {
    opts
  }

  /** `OptsSourceFn::call_once`: one call of the closure. */
  function CallOnce<R>(f: () -> R): R {
    f()
  }

  /** `envy::Error`, with its contents reduced to a message. */
  datatype EnvyError = EnvyError(message: string)

  /** What envy reads from the environment for a type: the result of
      `envy::prefixed(prefix).from_env()` for each prefix, and of
      `envy::from_env()`. */
  datatype EnvSource<T> = EnvSource(prefixed: string -> Result<T, EnvyError>, unprefixed: Result<T, EnvyError>)

  /** `EnvConfiguration::load`: a prefix selects the prefixed read, no
      prefix the plain one. */
  function EnvLoad<T>(opts: Option<string>, env: EnvSource<T>): (r: Result<T, EnvyError>)
    ensures opts.Some? ==> r == env.prefixed(opts.value)
    ensures opts.None? ==> r == env.unprefixed
  {
    match opts
    case Some(prefix) => env.prefixed(prefix)
    case None => env.unprefixed
  }

  /** The `load` of an impl derived by the env factory: the backend's `load`
      applied to the load argument. A prefix literal gives that prefix; a
      prefix expression gives what it evaluates to, a parameter here; and
      forwarded options are the caller's. */
  function DerivedEnvLoad<T>(impl: ConfigurationImpl, opts: Option<string>, eval: TokenStream -> Option<string>, env: EnvSource<T>): Result<T, EnvyError> {
    match impl.loadArg
    case PrefixLiteral(prefix) => EnvLoad(Some(prefix), env)
    case PrefixExpr(expr) => EnvLoad(eval(expr), env)
    case ForwardOpts => EnvLoad(opts, env)
  }

  /** The easy load of a direct configuration is its load of the default
      options, which is the default itself. */
  lemma DirectEasyLoadIsLoadOfDefault<T>(default: T)
    ensures EasyLoad(DirectLoad, default) == DirectLoad(default) == default
  {
  }

  /** Calling an options source once gives what the closure gives. */
  lemma CallOnceCalls<R>(f: () -> R)
    ensures CallOnce(f) == f()
  {
  }

  /** A derived impl whose `Opts` is `()` does not look at the options it is
      given. */
  lemma UnitOptsAreIgnored<T>(f: EnvFactory.EnvConfigurationFactory, parse: EnvFactory.ExprParser, o1: Option<string>, o2: Option<string>, eval: TokenStream -> Option<string>, env: EnvSource<T>)
    requires f.Build(parse).Ok? && f.Build(parse).value.opts.UnitOpts?
    ensures DerivedEnvLoad(f.Build(parse).value, o1, eval, env) == DerivedEnvLoad(f.Build(parse).value, o2, eval, env)
  {
  }

  /** The easy load of a derived env configuration reads the environment
      under the `prefix` when one is given, and without a prefix when
      neither option is: the default of `Option<String>` is `None`. */
  lemma DerivedEnvEasyLoad<T>(f: EnvFactory.EnvConfigurationFactory, parse: EnvFactory.ExprParser, eval: TokenStream -> Option<string>, env: EnvSource<T>)
    requires f.opts.prefix.Some? || f.opts.prefixSource.None?
    ensures f.Build(parse).Ok?
    ensures f.opts.prefix.Some? ==>
              EasyLoad((o: Option<string>) => DerivedEnvLoad(f.Build(parse).value, o, eval, env), None) == env.prefixed(f.opts.prefix.value)
    ensures f.opts.prefix.None? ==>
              EasyLoad((o: Option<string>) => DerivedEnvLoad(f.Build(parse).value, o, eval, env), None) == env.unprefixed
  {
  }
}
