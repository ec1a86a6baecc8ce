/** Helpers the derive crate's factories share: the paths its expansions
    start from (`blockz_derive/src/paths.rs`, with absolute paths, the
    default), the string literal of `blockz_derive/src/common.rs`, and the
    parts a derived `Configuration` impl is made of, which the env and envy
    factories choose. */
module DeriveCommon {
  import opened Syn

  /** `blockz_path()`: `::blockz`. */
  const BlockzPath: TokenStream := [Punct(':'), Punct(':'), Ident("blockz")]

  /** `tokio_path()`: `::tokio`. */
  const TokioPath: TokenStream := [Punct(':'), Punct(':'), Ident("tokio")]

  /** `create_lit_str`: the string literal holding `value`. */
  function StrLit(value: string): TokenTree {
    Literal("\"" + value + "\"")
  }

  /** The `Opts` type of the derived impl: `()`, or the `Opts` of the
      backend. */
  datatype OptsType = UnitOpts | BackendOpts(backend: string, typeName: string) {
    /** The tokens of the type. */
    function Tokens(): (r: TokenStream)
      ensures (r == [Group(Parenthesis, [])]) <==> UnitOpts?
    {
      match this
      case UnitOpts => [Group(Parenthesis, [])]
      case BackendOpts(backend, typeName) => BackendAssoc(backend, typeName, "Opts")
    }
  }

  /** `<::blockz::configuration::<backend><T> as ::blockz::configuration::Configuration>::<assoc>`. */
  function BackendAssoc(backend: string, typeName: string, assoc: string): (r: TokenStream)
    ensures |r| == 27 && r[9] == Ident(backend) && r[11] == Ident(typeName) && r[26] == Ident(assoc)
  {
    [Punct('<')] + BlockzPath + [Punct(':'), Punct(':'), Ident("configuration"), Punct(':'), Punct(':'), Ident(backend)]
    + [Punct('<'), Ident(typeName), Punct('>'), Ident("as")]
    + BlockzPath + [Punct(':'), Punct(':'), Ident("configuration"), Punct(':'), Punct(':'), Ident("Configuration")]
    + [Punct('>'), Punct(':'), Punct(':'), Ident(assoc)]
  }

  /** The argument the derived `load` hands on to the backend's `load`. */
  datatype LoadArg =
    | PrefixLiteral(prefix: string)
    | PrefixExpr(expr: TokenStream)
    | ForwardOpts
  {
    /** The tokens of the argument: `Some("<prefix>".to_string())`,
        `Some(<expr>)` or `opts`. */
    function Tokens(): (r: TokenStream)
      ensures (r == [Ident("opts")]) <==> ForwardOpts?
    {
      match this
      case PrefixLiteral(prefix) =>
        [Ident("Some"), Group(Parenthesis, [StrLit(prefix), Punct('.'), Ident("to_string"), Group(Parenthesis, [])])]
      case PrefixExpr(expr) => [Ident("Some"), Group(Parenthesis, expr)]
      case ForwardOpts => [Ident("opts")]
    }
  }

  /** What the derived impl is made of besides its fixed template: the type,
      the backend it delegates to, its `Opts` type and the load argument. */
  datatype ConfigurationImpl = ConfigurationImpl(typeName: string, backend: string, opts: OptsType, loadArg: LoadArg)
}
