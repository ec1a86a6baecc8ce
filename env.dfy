/** The env configuration factory (`blockz_derive/src/configuration/env.rs`):
    it derives `Configuration` for a type by delegating to
    `EnvConfiguration<T>`, choosing the impl's `Opts` type and the argument
    it hands on to `EnvConfiguration::load` from the `prefix` and
    `prefix_source` options. */
module EnvFactory {
  import opened Prelude
  import opened Syn
  import opened DeriveCommon

  /** `EnvConfigurationOpts`: both options default to unset. */
  datatype EnvConfigurationOpts = EnvConfigurationOpts(prefix: Option<string>, prefixSource: Option<string>)

  /** `EnvConfigurationOpts::default()`. */
  const DefaultOpts: EnvConfigurationOpts := EnvConfigurationOpts(None, None)

  /** The options of `#[configuration(...)]` the factory is made from; its
      `env` entry is taken out by `new_dyn`. */
  class ConfigurationOpts {
    var env: Option<EnvConfigurationOpts>

    constructor (env: Option<EnvConfigurationOpts>)
      ensures this.env == env
    {
      this.env := env;
    }
  }

  /** The parse of a Rust expression (`syn::parse_str::<Expr>`), a parameter
      because syn's grammar is not part of this model. */
  type ExprParser = string -> Result<TokenStream, Error>

  /** The error for a `prefix_source` that does not parse. */
  function PrefixSourceError(err: Error): Error {
    Error("failed to parse prefix source tokens: " + err.message)
  }

  /** `EnvConfigurationFactory`: the derived type's name and its options. */
  datatype EnvConfigurationFactory = EnvConfigurationFactory(typeName: string, opts: EnvConfigurationOpts) {

    /** `get_configuration_impl_opts`: `Opts` is `()` exactly when `prefix`
        or `prefix_source` is set. */
    function GetConfigurationImplOpts(): (r: OptsType)
      ensures r.UnitOpts? <==> opts.prefix.Some? || opts.prefixSource.Some?
      ensures r.BackendOpts? ==> r == BackendOpts("EnvConfiguration", typeName)
    {
      if opts.prefix.Some? || opts.prefixSource.Some? then UnitOpts
      else BackendOpts("EnvConfiguration", typeName)
    }

    /** `get_configuration_impl_load_arg`: the prefix wins over the prefix
        source; a prefix source is parsed as an expression, which can fail;
        with neither, `opts` is forwarded. */
    function GetConfigurationImplLoadArg(parse: ExprParser): (r: Result<LoadArg, Error>)
      ensures opts.prefix.Some? ==> r == Ok(PrefixLiteral(opts.prefix.value))
      ensures opts.prefix.None? && opts.prefixSource.Some? ==>
                match parse(opts.prefixSource.value)
                case Ok(expr) => r == Ok(PrefixExpr(expr))
                case Err(err) => r == Err(PrefixSourceError(err))
      ensures opts.prefix.None? && opts.prefixSource.None? ==> r == Ok(ForwardOpts)
    {
      if opts.prefix.Some? then Ok(PrefixLiteral(opts.prefix.value))
      else if opts.prefixSource.Some? then
        match parse(opts.prefixSource.value)
        case Ok(expr) => Ok(PrefixExpr(expr))
        case Err(err) => Err(PrefixSourceError(err))
      else Ok(ForwardOpts)
    }

    /** `build`: the impl delegating to `EnvConfiguration`, or the load
        argument's error. */
    function Build(parse: ExprParser): (r: Result<ConfigurationImpl, Error>)
      ensures r.Err? <==> GetConfigurationImplLoadArg(parse).Err?
      ensures r.Err? ==> r.error == GetConfigurationImplLoadArg(parse).error
      ensures r.Ok? ==> r.value.typeName == typeName && r.value.backend == "EnvConfiguration"
      ensures r.Ok? ==> r.value.opts == GetConfigurationImplOpts()
      ensures r.Ok? ==> r.value.loadArg == GetConfigurationImplLoadArg(parse).value
    {
      match GetConfigurationImplLoadArg(parse)
      case Ok(loadArg) => Ok(ConfigurationImpl(typeName, "EnvConfiguration", GetConfigurationImplOpts(), loadArg))
      case Err(err) => Err(err)
    }
  }

  /** `new_dyn`: the factory gets the `env` options, or the defaults when
      there are none, and they are taken out of `opts`. */
  method NewDyn(typeName: string, opts: ConfigurationOpts) returns (f: EnvConfigurationFactory)
    modifies opts
    ensures opts.env == None
    ensures f == EnvConfigurationFactory(typeName, old(opts.env).UnwrapOr(DefaultOpts))
  {
    var env := opts.env;
    opts.env := None;
    f := EnvConfigurationFactory(typeName, env.UnwrapOr(DefaultOpts));
  }

  /** A factory made by `new_dyn` from options without an `env` entry uses
      the backend's `Opts` and forwards them, and `opts` is left empty. */
  method NewDynWithoutEnv(typeName: string, parse: ExprParser) returns (f: EnvConfigurationFactory, left: Option<EnvConfigurationOpts>)
    ensures f.opts == DefaultOpts && left == None
    ensures f.Build(parse) == Ok(ConfigurationImpl(typeName, "EnvConfiguration", BackendOpts("EnvConfiguration", typeName), ForwardOpts))
  {
    var opts := new ConfigurationOpts(None);
    f := NewDyn(typeName, opts);
    left := opts.env;
  }

  /** The derived impl forwards `opts` exactly when its `Opts` type is the
      backend's, so the generated `load` never forwards a `()`. */
  lemma ForwardsOptsIffBackendOpts(f: EnvConfigurationFactory, parse: ExprParser)
    requires f.Build(parse).Ok?
    ensures f.Build(parse).value.loadArg.ForwardOpts? <==> f.Build(parse).value.opts.BackendOpts?
    ensures f.Build(parse).value.loadArg.Tokens() == [Ident("opts")] <==> f.Build(parse).value.opts.Tokens() != [Group(Parenthesis, [])]
  {
  }

  /** The prefix wins over the prefix source, which is then not even
      parsed: the impl is the same whatever the parser does. */
  lemma PrefixWins(f: EnvConfigurationFactory, parse1: ExprParser, parse2: ExprParser)
    requires f.opts.prefix.Some?
    ensures f.Build(parse1) == f.Build(parse2)
    ensures f.Build(parse1) == Ok(ConfigurationImpl(f.typeName, "EnvConfiguration", UnitOpts, PrefixLiteral(f.opts.prefix.value)))
  {
  }
}
