/** The envy configuration factory
    (`blockz_derive/src/configuration/envy.rs`): it derives `Configuration`
    by delegating to `EnvyConfiguration<T>`, with `()` as `Opts` and the
    prefix as argument when a `prefix` is given, and forwarding the
    backend's `Opts` otherwise. It has no error path. */
module EnvyFactory {
  import opened Prelude
  import opened DeriveCommon

  /** `EnvyConfigurationOpts`: the prefix defaults to unset. */
  datatype EnvyConfigurationOpts = EnvyConfigurationOpts(prefix: Option<string>)

  /** `EnvyConfigurationFactory`: the derived type's name and its options. */
  datatype EnvyConfigurationFactory = EnvyConfigurationFactory(typeName: string, opts: EnvyConfigurationOpts) {

    /** `get_configuration_impl_opts`: `Opts` is `()` exactly when `prefix`
        is set. */
    function GetConfigurationImplOpts(): (r: OptsType)
      ensures r.UnitOpts? <==> opts.prefix.Some?
      ensures r.BackendOpts? ==> r == BackendOpts("EnvyConfiguration", typeName)
    {
      if opts.prefix.Some? then UnitOpts else BackendOpts("EnvyConfiguration", typeName)
    }

    /** `get_configuration_impl_load_arg`: the prefix literal when `prefix`
        is set, `opts` forwarded otherwise. */
    function GetConfigurationImplLoadArg(): (r: LoadArg)
      ensures r.PrefixLiteral? <==> opts.prefix.Some?
      ensures r.PrefixLiteral? ==> r.prefix == opts.prefix.value
      ensures r.PrefixLiteral? || r.ForwardOpts?
    {
      if opts.prefix.Some? then PrefixLiteral(opts.prefix.value) else ForwardOpts
    }

    /** `build`: always an impl delegating to `EnvyConfiguration`. */
    function Build(): (r: ConfigurationImpl)
      ensures r.typeName == typeName && r.backend == "EnvyConfiguration"
      ensures r.opts == GetConfigurationImplOpts() && r.loadArg == GetConfigurationImplLoadArg()
    {
      ConfigurationImpl(typeName, "EnvyConfiguration", GetConfigurationImplOpts(), GetConfigurationImplLoadArg())
    }
  }

  /** `opts` is forwarded exactly when `Opts` is the backend's type. */
  lemma ForwardsOptsIffBackendOpts(f: EnvyConfigurationFactory)
    ensures f.Build().loadArg.ForwardOpts? <==> f.Build().opts.BackendOpts?
    ensures f.Build().loadArg.Tokens() == [Syn.Ident("opts")] <==> f.Build().opts.Tokens() != [Syn.Group(Syn.Parenthesis, [])]
  {
  }
}
